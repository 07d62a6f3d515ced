/**
 `_extract_medias_from_response`: finds the list of media items in a search
 response, trying four envelope shapes in a fixed order and taking the first
 whose container key is present.
 */
module Normalizer {
  import opened PyJson

  /** The media lists of a sequence of sections, concatenated in order:
      `section.get("layout_content", {}).get("medias", [])` for each section. */
  function SectionMedias(sections: seq<Json>): (r: Py<seq<Json>>)
  {
    if |sections| == 0 then Ok([])
    else
      var layout :- GetOr(sections[0], "layout_content", EmptyObj);
      var medias :- GetOr(layout, "medias", EmptyArr);
      var items :- Iter(medias);
      var rest :- SectionMedias(sections[1..]);
      Ok(items + rest)
  }

  /** The loop over sections shared by the first two shapes. */
  function FromSections(sections: Json): Py<Json> {
    var ss :- Iter(sections);
    var medias :- SectionMedias(ss);
    Ok(JArr(medias))
  }

  /** The media list of a search response. A value other than a dict,
      list or string raises on the first `in` test; the two section shapes
      always yield a list, while `medias` and `items` are handed back as they
      are; a dict with none of the four keys yields an empty list. */
  function Extract(data: Json): (r: Py<Json>)
    ensures !(data.JObj? || data.JArr? || data.JStr?) ==> r.Raised?
    ensures data.JObj? && (HasKey(data.fields, "media_grid") || HasKey(data.fields, "sections")) ==>
              r.Ok? ==> r.value.JArr?
    ensures data.JObj? && !HasKey(data.fields, "media_grid") && !HasKey(data.fields, "sections") ==>
              && (HasKey(data.fields, "medias") ==> r == Ok(Lookup(data.fields, "medias").value))
              && (!HasKey(data.fields, "medias") && HasKey(data.fields, "items") ==>
                    r == Ok(Lookup(data.fields, "items").value))
              && (!HasKey(data.fields, "medias") && !HasKey(data.fields, "items") ==> r == Ok(EmptyArr))
  {
    var hasGrid :- In("media_grid", data);
    if hasGrid then
      var grid :- Subscript(data, "media_grid");
      var sections :- GetOr(grid, "sections", EmptyArr);
      FromSections(sections)
    else
      var hasSections :- In("sections", data);
      if hasSections then
        var sections :- Subscript(data, "sections");
        FromSections(sections)
      else
        var hasMedias :- In("medias", data);
        if hasMedias then Subscript(data, "medias")
        else
          var hasItems :- In("items", data);
          if hasItems then Subscript(data, "items")
          else Ok(EmptyArr)
  }

  // ---------------------------------------------------------------------
  // Envelopes built from their parts, as the reference the extraction is
  // checked against.

  /** The four envelope shapes, each holding what it carries. */
  datatype Shape =
    | Grid(gridSections: seq<seq<Json>>)
    | TopSections(sections: seq<seq<Json>>)
    | Medias(medias: Json)
    | Items(items: Json)

  function Concat(ss: seq<seq<Json>>): seq<Json> {
    if |ss| == 0 then [] else ss[0] + Concat(ss[1..])
  }

  /** The container key a shape is recognised by. */
  function ShapeKey(s: Shape): string {
    match s
    case Grid(_) => "media_grid"
    case TopSections(_) => "sections"
    case Medias(_) => "medias"
    case Items(_) => "items"
  }

  /** The keys of the shapes that take priority over `s`. */
  function HigherKeys(s: Shape): seq<string> {
    match s
    case Grid(_) => []
    case TopSections(_) => ["media_grid"]
    case Medias(_) => ["media_grid", "sections"]
    case Items(_) => ["media_grid", "sections", "medias"]
  }

  /** What a response of shape `s` holds for the crawler. */
  function Carried(s: Shape): Json {
    match s
    case Grid(ss) => JArr(Concat(ss))
    case TopSections(ss) => JArr(Concat(ss))
    case Medias(m) => m
    case Items(i) => i
  }

  /** A section whose `layout_content` holds the list `medias`; both dicts
      may carry any other keys. */
  predicate SectionHolds(section: Json, medias: seq<Json>) {
    && section.JObj?
    && Lookup(section.fields, "layout_content").Some?
    && var layout := Lookup(section.fields, "layout_content").value;
       layout.JObj? && Lookup(layout.fields, "medias") == Some(JArr(medias))
  }

  predicate SectionsHold(sections: seq<Json>, ss: seq<seq<Json>>) {
    |sections| == |ss| && forall i :: 0 <= i < |ss| ==> SectionHolds(sections[i], ss[i])
  }

  /** The value under a shape's container key holds what the shape carries:
      a grid is a dict (with any other keys, `next_max_id` among them) whose
      `sections` list holds the sections' media lists. */
  predicate Holds(s: Shape, v: Json) {
    match s
    case Grid(ss) =>
      && v.JObj? && Lookup(v.fields, "sections").Some?
      && Lookup(v.fields, "sections").value.JArr?
      && SectionsHold(Lookup(v.fields, "sections").value.elems, ss)
    case TopSections(ss) => v.JArr? && SectionsHold(v.elems, ss)
    case Medias(m) => v == m
    case Items(i) => v == i
  }

  /** A response of shape `s`: a dict whose container key holds the shape's
      content and which has no key of a higher-priority shape. Any other key,
      at any level and in any position, is left free. */
  predicate IsEnvelope(data: Json, s: Shape) {
    && data.JObj?
    && (forall k :: k in HigherKeys(s) ==> !HasKey(data.fields, k))
    && Lookup(data.fields, ShapeKey(s)).Some?
    && Holds(s, Lookup(data.fields, ShapeKey(s)).value)
  }

  lemma {:induction false} SectionMediasOfSections(sections: seq<Json>, ss: seq<seq<Json>>)
    requires SectionsHold(sections, ss)
    ensures SectionMedias(sections) == Ok(Concat(ss))
  {
    if |ss| > 0 {
      assert SectionHolds(sections[0], ss[0]);
      assert SectionsHold(sections[1..], ss[1..]) by {
        forall i | 0 <= i < |ss| - 1
          ensures SectionHolds(sections[1..][i], ss[1..][i])
        {
          assert sections[1..][i] == sections[i + 1] && ss[1..][i] == ss[i + 1];
        }
      }
      SectionMediasOfSections(sections[1..], ss[1..]);
    }
  }

  /** Shape priority: whatever else the response holds, as long as no key
      of a higher-priority shape is present, extraction returns exactly what
      the shape carries, the in-order concatenation of the sections' media
      lists for the two section shapes (empty when they are empty). Lower
      shapes are never consulted. */
  lemma ExtractEnvelope(s: Shape, data: Json)
    requires IsEnvelope(data, s)
    ensures Extract(data) == Ok(Carried(s))
  {
    var v := Lookup(data.fields, ShapeKey(s)).value;
    forall k | k in HigherKeys(s)
      ensures !HasKey(data.fields, k)
    {
    }
    match s
    case Grid(ss) =>
      SectionMediasOfSections(Lookup(v.fields, "sections").value.elems, ss);
    case TopSections(ss) =>
      SectionMediasOfSections(v.elems, ss);
    case Medias(_) =>
    case Items(_) =>
  }

  /** A section as the search endpoint sends it. */
  function SectionJson(medias: seq<Json>, layoutType: Json): Json {
    JObj([("layout_type", layoutType), ("layout_content", JObj([("medias", JArr(medias))]))])
  }

  function SectionsJson(ss: seq<seq<Json>>, layoutType: Json): (r: seq<Json>)
    ensures SectionsHold(r, ss)
  {
    if |ss| == 0 then []
    else
      var r := [SectionJson(ss[0], layoutType)] + SectionsJson(ss[1..], layoutType);
      assert SectionHolds(r[0], ss[0]) by {
        LookupSkip("layout_type", layoutType, [("layout_content", JObj([("medias", JArr(ss[0]))]))], "layout_content");
      }
      r
  }

  /** The `media_grid` of a real search response: its sections and the next
      page's cursor. */
  function GridJson(ss: seq<seq<Json>>, layoutType: Json, cursor: Json): Json {
    JObj([("sections", JArr(SectionsJson(ss, layoutType))), ("next_max_id", cursor)])
  }

  /** The top-level envelope of the real search response:
      `media_grid.sections[*].layout_content.medias[*]`, concatenated in
      order, even when that is empty and `medias` or `items` are present. */
  lemma GridWinsOverLowerShapes(ss: seq<seq<Json>>, layoutType: Json, cursor: Json, m: Json, i: Json)
    ensures Extract(JObj([("media_grid", GridJson(ss, layoutType, cursor)),
                          ("medias", m), ("items", i)])) == Ok(JArr(Concat(ss)))
  {
    var g := GridJson(ss, layoutType, cursor);
    var extra := [("medias", m), ("items", i)];
    LookupFirst("media_grid", g, extra);
    LookupFirst("sections", JArr(SectionsJson(ss, layoutType)), [("next_max_id", cursor)]);
    ExtractEnvelope(Grid(ss), JObj([("media_grid", g)] + extra));
  }

  /** A dict with none of the four container keys yields no items. */
  lemma ExtractNoShape(fs: seq<(string, Json)>)
    requires !HasKey(fs, "media_grid") && !HasKey(fs, "sections")
    requires !HasKey(fs, "medias") && !HasKey(fs, "items")
    ensures Extract(JObj(fs)) == Ok(EmptyArr)
  {
  }

  /** A `media_grid` that is not a dict makes the extraction raise, even if
      a lower shape would have answered. */
  lemma ExtractBadGridRaises(g: Json, extra: seq<(string, Json)>)
    requires !g.JObj?
    ensures Extract(JObj([("media_grid", g)] + extra)).Raised?
  {
    LookupFirst("media_grid", g, extra);
  }
}
